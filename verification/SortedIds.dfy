/** Ascending lists of distinct identifiers, as the rating code builds them from
    map keys before it iterates. */
module SortedIds {
  import opened Common

  ghost predicate Ascending(s: seq<Id>) {
    forall i, j :: 0 <= i < j < |s| ==> s[i] < s[j]
  }

  ghost function Ids(s: seq<Id>): set<Id> {
    set id | id in s
  }

  /** Equal sets have one ascending list. */
  lemma {:induction false} AscendingUnique(a: seq<Id>, b: seq<Id>)
    requires Ascending(a) && Ascending(b) && Ids(a) == Ids(b)
    ensures a == b
  {
    if a != [] {
      assert a[0] in Ids(a);
    }
    if b != [] {
      assert b[0] in Ids(b);
    }
    if a != [] && b != [] {
      forall id ensures id in Ids(a[1..]) <==> id in Ids(b[1..]) {
        assert id in Ids(a) <==> id in Ids(b);
      }
      AscendingUnique(a[1..], b[1..]);
    }
  }

  method Insert(s: seq<Id>, id: Id) returns (r: seq<Id>)
    requires Ascending(s) && id !in s
    ensures Ascending(r) && Ids(r) == Ids(s) + {id} && |r| == |s| + 1
  {
    var at := 0;
    while at < |s| && s[at] < id
      invariant 0 <= at <= |s|
      invariant forall i :: 0 <= i < at ==> s[i] < id
    {
      at := at + 1;
    }
    r := s[..at] + [id] + s[at..];
    assert s == s[..at] + s[at..];
  }

  ghost predicate IsSortedList(ids: set<Id>, s: seq<Id>) {
    Ascending(s) && Ids(s) == ids && |s| == |ids|
  }

  method Sort(ids: set<Id>) returns (s: seq<Id>)
    ensures IsSortedList(ids, s)
  {
    s := [];
    var rest := ids;
    while rest != {}
      invariant rest <= ids && Ascending(s) && Ids(s) == ids - rest && |s| == |ids| - |rest|
      decreases rest
    {
      var id :| id in rest;
      assert id !in Ids(s);
      s := Insert(s, id);
      rest := rest - {id};
    }
  }

  lemma {:induction false} SortedListExists(ids: set<Id>)
    ensures exists s :: IsSortedList(ids, s)
  {
    if ids == {} {
      assert IsSortedList(ids, []);
    } else {
      GreatestExists(ids);
      var top :| IsGreatest(ids, top);
      SortedListExists(ids - {top});
      var low :| IsSortedList(ids - {top}, low);
      forall i | 0 <= i < |low| ensures low[i] < top {
        assert low[i] in Ids(low);
      }
      var s := low + [top];
      forall id ensures id in Ids(s) <==> id in ids {
        assert id in Ids(s) <==> id in Ids(low) || id == top;
      }
      assert IsSortedList(ids, s);
    }
  }

  ghost predicate IsGreatest(ids: set<Id>, top: Id) {
    top in ids && forall id :: id in ids ==> id <= top
  }

  lemma {:induction false} GreatestExists(ids: set<Id>)
    requires ids != {}
    ensures exists top :: IsGreatest(ids, top)
  {
    var any :| any in ids;
    if ids != {any} {
      assert ids - {any} != {};
      GreatestExists(ids - {any});
      var rest :| IsGreatest(ids - {any}, rest);
      var top := if any > rest then any else rest;
      forall id | id in ids ensures id <= top {
        assert id == any || id in ids - {any};
      }
      assert IsGreatest(ids, top);
    } else {
      assert IsGreatest(ids, any);
    }
  }

  /** The list of a set; whatever builds it, there is only one. */
  ghost function SortedList(ids: set<Id>): (s: seq<Id>)
    ensures IsSortedList(ids, s)
  {
    SortedListExists(ids);
    var s :| IsSortedList(ids, s);
    s
  }

  lemma SortedListUnique(ids: set<Id>, s: seq<Id>)
    requires IsSortedList(ids, s)
    ensures s == SortedList(ids)
  {
    AscendingUnique(s, SortedList(ids));
  }
}
