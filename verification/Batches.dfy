/** The bounded, ordered selection that every claim statement makes: the first
    rows of an ordering, as many as a limit admits. */
module Batches {
  import opened Common

  type Order = (Id, Id) -> bool

  ghost predicate Asymmetric(before: Order) {
    forall a, b :: before(a, b) ==> !before(b, a)
  }

  ghost predicate DecidesOn(before: Order, ids: set<Id>) {
    forall a, b :: a in ids && b in ids && a != b ==> before(a, b) || before(b, a)
  }

  ghost predicate TransitiveOn(before: Order, ids: set<Id>) {
    forall a, b, c :: a in ids && b in ids && c in ids && before(a, b) && before(b, c) ==> before(a, c)
  }

  /** The batch is within the limit, and a row is left out only if the batch is
      full of rows that come before it. */
  ghost predicate IsEarliest(due: set<Id>, limit: int, before: Order, batch: set<Id>) {
    && batch <= due && |batch| <= limit
    && forall id :: id in due && id !in batch ==> |batch| == limit && forall b :: b in batch ==> before(b, id)
  }

  /** The minimum of the ordering. */
  method Earliest(ids: set<Id>, before: Order) returns (first: Id)
    requires ids != {} && DecidesOn(before, ids) && TransitiveOn(before, ids)
    ensures first in ids && forall id :: id in ids && id != first ==> before(first, id)
  {
    first :| first in ids;
    var rest := ids - {first};
    while rest != {}
      invariant first in ids && rest <= ids - {first}
      invariant forall id :: id in ids - rest && id != first ==> before(first, id)
      decreases rest
    {
      var next :| next in rest;
      rest := rest - {next};
      if before(next, first) {
        first := next;
      }
    }
  }

  /** `ORDER BY … LIMIT`. */
  method SelectEarliest(due: set<Id>, limit: int, before: Order) returns (batch: set<Id>)
    requires limit > 0 && DecidesOn(before, due) && TransitiveOn(before, due)
    ensures IsEarliest(due, limit, before, batch)
  {
    hide DecidesOn, TransitiveOn;
    batch := {};
    while batch != due && |batch| < limit
      invariant batch <= due && |batch| <= limit
      invariant forall b, id :: b in batch && id in due - batch ==> before(b, id)
      decreases due - batch
    {
      Among(before, due, due - batch);
      var next := Earliest(due - batch, before);
      batch := batch + {next};
    }
  }

  lemma Among(before: Order, ids: set<Id>, some: set<Id>)
    requires DecidesOn(before, ids) && TransitiveOn(before, ids) && some <= ids
    ensures DecidesOn(before, some) && TransitiveOn(before, some)
  {
  }

  /** There is only one such selection. */
  lemma EarliestIsUnique(due: set<Id>, limit: int, before: Order, a: set<Id>, b: set<Id>)
    requires IsEarliest(due, limit, before, a) && IsEarliest(due, limit, before, b) && Asymmetric(before)
    ensures a == b
  {
    EarliestIncluded(due, limit, before, a, b);
    EarliestIncluded(due, limit, before, b, a);
  }

  lemma EarliestIncluded(due: set<Id>, limit: int, before: Order, a: set<Id>, b: set<Id>)
    requires IsEarliest(due, limit, before, a) && IsEarliest(due, limit, before, b) && Asymmetric(before)
    ensures a <= b
  {
    if x :| x in a && x !in b {
      if b <= a {
        SmallerSet(b, a, x);
        assert false;
      }
      assert false;
    }
  }

  lemma SmallerSet(a: set<Id>, b: set<Id>, extra: Id)
    requires a <= b - {extra} && extra in b
    ensures |a| < |b|
  {
    var rest := b - {extra} - a;
    assert b - {extra} == a + rest;
  }
}
