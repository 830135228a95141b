/** The order in which waiting rooms are offered: rooms past their age threshold
    first and oldest first, the others in input order. */
module Priority {
  import opened Common
  import opened MatchTypes
  import opened Eligibility
  import opened Selector

  predicate Waiting(room: RoomView, evaluatedAt: Time) {
    room.Valid() && room.createdAt <= evaluatedAt <= room.deadline
  }

  /** Negative when `left` goes first; young rooms are all equal. */
  function ComparePriority(left: RoomView, right: RoomView, evaluatedAt: Time): int {
    var leftOld := RoomAgePrioritized(left, evaluatedAt);
    var rightOld := RoomAgePrioritized(right, evaluatedAt);
    if leftOld != rightOld then if leftOld then -1 else 1
    else if !leftOld || left.createdAt == right.createdAt then 0
    else if left.createdAt < right.createdAt then -1 else 1
  }

  ghost predicate PriorityOrdered(rooms: seq<RoomView>, evaluatedAt: Time) {
    forall i, j :: 0 <= i < j < |rooms| ==> ComparePriority(rooms[i], rooms[j], evaluatedAt) <= 0
  }

  /** The young rooms, in order. */
  function Young(rooms: seq<RoomView>, evaluatedAt: Time): seq<RoomView> {
    if rooms == [] then []
    else
      var last := rooms[|rooms| - 1];
      Young(rooms[..|rooms| - 1], evaluatedAt) + if RoomAgePrioritized(last, evaluatedAt) then [] else [last]
  }

  lemma {:induction false} YoungJoin(a: seq<RoomView>, b: seq<RoomView>, evaluatedAt: Time)
    ensures Young(a + b, evaluatedAt) == Young(a, evaluatedAt) + Young(b, evaluatedAt)
  {
    hide RoomAgePrioritized;
    if b == [] {
      assert a + b == a;
    } else {
      YoungJoin(a, b[..|b| - 1], evaluatedAt);
      assert (a + b)[..|a + b| - 1] == a + b[..|b| - 1];
    }
  }

  lemma {:induction false} NoYoung(rooms: seq<RoomView>, evaluatedAt: Time)
    requires forall i :: 0 <= i < |rooms| ==> RoomAgePrioritized(rooms[i], evaluatedAt)
    ensures Young(rooms, evaluatedAt) == []
  {
    if rooms != [] {
      NoYoung(rooms[..|rooms| - 1], evaluatedAt);
    }
  }

  /** Moving a room forward past rooms that it precedes keeps the young order. */
  lemma YoungInsert(rooms: seq<RoomView>, at: nat, room: RoomView, evaluatedAt: Time)
    requires at <= |rooms|
    requires at < |rooms| ==> RoomAgePrioritized(room, evaluatedAt)
    ensures Young(rooms[..at] + [room] + rooms[at..], evaluatedAt) == Young(rooms + [room], evaluatedAt)
  {
    hide Young, RoomAgePrioritized;
    var before, after := rooms[..at], rooms[at..];
    assert rooms == before + after;
    YoungJoin(before + [room], after, evaluatedAt);
    YoungJoin(before, [room], evaluatedAt);
    YoungJoin(before, after, evaluatedAt);
    YoungJoin(rooms, [room], evaluatedAt);
    if at < |rooms| {
      NoYoung([room], evaluatedAt);
    } else {
      assert after == [];
      NoYoung(after, evaluatedAt);
    }
  }

  lemma InsertOrdered(rooms: seq<RoomView>, at: nat, room: RoomView, evaluatedAt: Time)
    requires PriorityOrdered(rooms, evaluatedAt) && at <= |rooms|
    requires at > 0 ==> ComparePriority(room, rooms[at - 1], evaluatedAt) >= 0
    requires forall i :: at <= i < |rooms| ==> ComparePriority(room, rooms[i], evaluatedAt) < 0
    ensures PriorityOrdered(rooms[..at] + [room] + rooms[at..], evaluatedAt)
  {
    var r := rooms[..at] + [room] + rooms[at..];
    forall i, j | 0 <= i < j < |r| ensures ComparePriority(r[i], r[j], evaluatedAt) <= 0 {
      var left := if i < at then r[i] == rooms[i] else if i == at then r[i] == room else r[i] == rooms[i - 1];
      var right := if j < at then r[j] == rooms[j] else if j == at then r[j] == room else r[j] == rooms[j - 1];
      assert left && right;
      if j == at && i < at - 1 {
        assert ComparePriority(rooms[i], rooms[at - 1], evaluatedAt) <= 0;
      }
    }
  }

  method InsertStable(rooms: seq<RoomView>, room: RoomView, evaluatedAt: Time) returns (r: seq<RoomView>)
    requires PriorityOrdered(rooms, evaluatedAt)
    ensures PriorityOrdered(r, evaluatedAt) && multiset(r) == multiset(rooms) + multiset{room}
    ensures Young(r, evaluatedAt) == Young(rooms + [room], evaluatedAt)
  {
    hide PriorityOrdered, Young;
    var at := |rooms|;
    while at > 0 && ComparePriority(room, rooms[at - 1], evaluatedAt) < 0
      invariant 0 <= at <= |rooms|
      invariant forall i :: at <= i < |rooms| ==> ComparePriority(room, rooms[i], evaluatedAt) < 0
    {
      at := at - 1;
    }
    InsertOrdered(rooms, at, room, evaluatedAt);
    YoungInsert(rooms, at, room, evaluatedAt);
    assert rooms == rooms[..at] + rooms[at..];
    r := rooms[..at] + [room] + rooms[at..];
  }

  /** Validates every room, then sorts a copy stably; a room that is not forming at
      the evaluation time fails the batch. */
  method PrioritizeWaitingRooms(rooms: seq<RoomView>, evaluatedAt: Time) returns (r: Result<seq<RoomView>>)
    ensures r.Ok? <==> evaluatedAt != 0 && forall i :: 0 <= i < |rooms| ==> Waiting(rooms[i], evaluatedAt)
    ensures r.Ok? ==>
      && multiset(r.value) == multiset(rooms) && PriorityOrdered(r.value, evaluatedAt)
      && Young(r.value, evaluatedAt) == Young(rooms, evaluatedAt)
  {
    hide PriorityOrdered, Young;
    if evaluatedAt == 0 {
      return Err(InvalidInput);
    }
    for k := 0 to |rooms|
      invariant forall i :: 0 <= i < k ==> Waiting(rooms[i], evaluatedAt)
    {
      var valid := ValidateRoom(rooms[k]);
      if !valid || evaluatedAt < rooms[k].createdAt || evaluatedAt > rooms[k].deadline {
        return Err(InvalidInput);
      }
    }
    var ordered: seq<RoomView> := [];
    EmptyOrdered(evaluatedAt);
    assert rooms[..0] == [];
    for k := 0 to |rooms|
      invariant multiset(ordered) == multiset(rooms[..k]) && PriorityOrdered(ordered, evaluatedAt)
      invariant Young(ordered, evaluatedAt) == Young(rooms[..k], evaluatedAt)
    {
      assert rooms[..k + 1] == rooms[..k] + [rooms[k]];
      YoungJoin(ordered, [rooms[k]], evaluatedAt);
      YoungJoin(rooms[..k], [rooms[k]], evaluatedAt);
      ordered := InsertStable(ordered, rooms[k], evaluatedAt);
    }
    assert rooms[..|rooms|] == rooms;
    r := Ok(ordered);
  }

  lemma EmptyOrdered(evaluatedAt: Time)
    ensures PriorityOrdered([], evaluatedAt) && Young([], evaluatedAt) == []
  {
  }

  /** Cutting the ordered list at a limit never drops an old room in favour of a
      younger one: if a room past its threshold is cut, every room that is kept is
      past it too and was created no later. */
  lemma LimitKeepsOldest(rooms: seq<RoomView>, evaluatedAt: Time, limit: nat, kept: nat, dropped: nat)
    requires PriorityOrdered(rooms, evaluatedAt) && kept < limit <= dropped < |rooms|
    requires rooms[dropped].createdAt + rooms[dropped].policy.agePriorityAfter <= evaluatedAt
    ensures rooms[kept].createdAt + rooms[kept].policy.agePriorityAfter <= evaluatedAt
    ensures rooms[kept].createdAt <= rooms[dropped].createdAt
  {
    assert ComparePriority(rooms[kept], rooms[dropped], evaluatedAt) <= 0;
  }
}
