/** Choice of one room for one candidate from a homogeneous batch of rooms. */
module Selector {
  import opened Common
  import opened RatingTypes
  import opened MatchTypes
  import opened Eligibility

  datatype RoomSelection = RoomSelection(
    roomId: Id,
    roomVersion: int,
    membersBefore: nat,
    capacity: int,
    agePriority: bool,
    decision: CandidateDecision)

  /** An eligible room with its position in the batch. */
  datatype RoomOption = RoomOption(room: RoomView, decision: CandidateDecision, inputRank: nat)

  predicate RoomAgePrioritized(room: RoomView, evaluatedAt: Time) {
    evaluatedAt - room.createdAt >= room.policy.agePriorityAfter
  }

  // ---------------------------------------------------------------------
  // Scope of a selection
  // ---------------------------------------------------------------------

  /** One mode, one capacity, one immutable policy, distinct valid rooms. */
  ghost predicate ScopeValid(rooms: seq<RoomView>, k: nat)
    requires 0 < k <= |rooms|
  {
    && (forall i :: 0 <= i < k ==>
      && rooms[i].Valid()
      && rooms[i].modeId == rooms[0].modeId
      && rooms[i].capacity == rooms[0].capacity
      && rooms[i].policy == rooms[0].policy)
    && (forall i, j :: 0 <= i < j < k ==> rooms[i].roomId != rooms[j].roomId)
  }

  method ValidateSelectionScope(rooms: seq<RoomView>) returns (valid: bool)
    requires |rooms| > 0
    ensures valid == ScopeValid(rooms, |rooms|)
  {
    var reference := rooms[0];
    var seen: set<Id> := {};
    for k := 0 to |rooms|
      invariant k > 0 ==> ScopeValid(rooms, k)
      invariant seen == set i | 0 <= i < k :: rooms[i].roomId
    {
      var roomValid := ValidateRoom(rooms[k]);
      if !roomValid {
        return false;
      }
      if rooms[k].modeId != reference.modeId || rooms[k].capacity != reference.capacity
         || rooms[k].policy != reference.policy || rooms[k].roomId in seen {
        return false;
      }
      seen := seen + {rooms[k].roomId};
    }
    valid := true;
  }

  // ---------------------------------------------------------------------
  // The order of the options
  // ---------------------------------------------------------------------

  /** Negative when `left` goes first. Old rooms come first, oldest first; then,
      if the policy prefers it, fuller rooms and smaller gaps; then input order. */
  function Compare(left: RoomOption, right: RoomOption, evaluatedAt: Time): int {
    var leftOld := RoomAgePrioritized(left.room, evaluatedAt);
    var rightOld := RoomAgePrioritized(right.room, evaluatedAt);
    if leftOld != rightOld then if leftOld then -1 else 1
    else if leftOld && left.room.createdAt != right.room.createdAt then
      if left.room.createdAt < right.room.createdAt then -1 else 1
    else if left.room.policy.preferNearlyFull && |left.room.members| != |right.room.members| then
      |right.room.members| - |left.room.members|
    else if left.room.policy.preferNearlyFull && left.decision.skillGap != right.decision.skillGap then
      if left.decision.skillGap < right.decision.skillGap then -1 else 1
    else left.inputRank - right.inputRank
  }

  ghost predicate OnePolicy(options: seq<RoomOption>) {
    forall a, b :: a in options && b in options ==> a.room.policy == b.room.policy
  }

  ghost predicate DistinctRanks(options: seq<RoomOption>) {
    forall i, j :: 0 <= i < j < |options| ==> options[i].inputRank != options[j].inputRank
  }

  /** The comparator is antisymmetric and decides every pair of options. */
  lemma CompareTotal(a: RoomOption, b: RoomOption, evaluatedAt: Time)
    requires a.room.policy == b.room.policy && a.inputRank != b.inputRank
    ensures Compare(a, b, evaluatedAt) < 0 <==> !(Compare(b, a, evaluatedAt) < 0)
    ensures Compare(a, b, evaluatedAt) != 0
  {
  }

  lemma CompareTransitive(a: RoomOption, b: RoomOption, c: RoomOption, evaluatedAt: Time)
    requires a.room.policy == b.room.policy == c.room.policy
    requires Compare(a, b, evaluatedAt) < 0 && Compare(b, c, evaluatedAt) < 0
    ensures Compare(a, c, evaluatedAt) < 0
  {
  }

  /** Three waiting rooms of one mode and size, none past its age threshold, that
      prefer each other in a circle. */
  ghost predicate PreferInCircle(
    room: RoomView, a: RoomOption, b: RoomOption, c: RoomOption, evaluatedAt: Time)
  {
    && (forall o :: o in {a, b, c} ==>
      && o.room.Valid() && o.room.modeId == room.modeId && o.room.capacity == room.capacity
      && o.room.createdAt <= evaluatedAt <= o.room.deadline
      && !RoomAgePrioritized(o.room, evaluatedAt))
    && a.room.roomId != b.room.roomId && b.room.roomId != c.room.roomId && a.room.roomId != c.room.roomId
    && a.inputRank < b.inputRank < c.inputRank
    && a.room.policy.(version := b.room.policy.version, preferNearlyFull := b.room.policy.preferNearlyFull)
      == b.room.policy
    && c.room.policy == room.policy
    && Compare(a, b, evaluatedAt) < 0 && Compare(b, c, evaluatedAt) < 0 && Compare(c, a, evaluatedAt) < 0
  }

  /** Without the scope check the comparator is no order. Next to any room with a
      member whose policy prefers nearly full rooms there can be two, of the same
      mode and size and under a second policy that does not, so that the three
      prefer each other in a circle. */
  lemma MixedPoliciesCycle(room: RoomView, decision: CandidateDecision, evaluatedAt: Time)
    requires room.Valid() && room.policy.preferNearlyFull && |room.members| > 0
    requires room.createdAt <= evaluatedAt <= room.deadline && !RoomAgePrioritized(room, evaluatedAt)
    ensures exists a, b: RoomOption :: PreferInCircle(room, a, b, RoomOption(room, decision, 2), evaluatedAt)
  {
    var calm := room.policy.(version := room.policy.version + 1, preferNearlyFull := false);
    var empty := room.(roomId := room.roomId + 1, policy := calm, members := []);
    var other := room.(roomId := room.roomId + 2, policy := calm);
    var a, b, c := RoomOption(empty, decision, 0), RoomOption(other, decision, 1), RoomOption(room, decision, 2);
    assert Compare(a, b, evaluatedAt) < 0 && Compare(b, c, evaluatedAt) < 0 && Compare(c, a, evaluatedAt) < 0;
    assert PreferInCircle(room, a, b, c, evaluatedAt);
  }

  /** `o` goes before every other option. */
  ghost predicate IsLeast(o: RoomOption, options: seq<RoomOption>, evaluatedAt: Time) {
    o in options && forall p :: p in options && p != o ==> Compare(o, p, evaluatedAt) < 0
  }

  ghost function Least(options: seq<RoomOption>, k: nat, evaluatedAt: Time): RoomOption
    requires 0 < k <= |options|
  {
    if k == 1 then options[0]
    else
      var best := Least(options, k - 1, evaluatedAt);
      if Compare(options[k - 1], best, evaluatedAt) < 0 then options[k - 1] else best
  }

  lemma {:induction false} LeastBelow(options: seq<RoomOption>, k: nat, evaluatedAt: Time)
    requires 0 < k <= |options| && OnePolicy(options) && DistinctRanks(options)
    ensures exists i :: 0 <= i < k && options[i] == Least(options, k, evaluatedAt)
    ensures forall i :: 0 <= i < k && options[i] != Least(options, k, evaluatedAt) ==>
      Compare(Least(options, k, evaluatedAt), options[i], evaluatedAt) < 0
  {
    hide Compare;
    if k > 1 {
      LeastBelow(options, k - 1, evaluatedAt);
      var best, next := Least(options, k - 1, evaluatedAt), options[k - 1];
      var at :| 0 <= at < k - 1 && options[at] == best;
      CompareTotal(next, best, evaluatedAt);
      if Compare(next, best, evaluatedAt) < 0 {
        forall i | 0 <= i < k && options[i] != next ensures Compare(next, options[i], evaluatedAt) < 0 {
          if options[i] != best {
            CompareTransitive(next, best, options[i], evaluatedAt);
          }
        }
      }
    } else {
      assert options[0] == Least(options, k, evaluatedAt);
    }
  }

  /** There is exactly one least option. */
  lemma LeastIsUnique(options: seq<RoomOption>, evaluatedAt: Time, o: RoomOption)
    requires |options| > 0 && OnePolicy(options) && DistinctRanks(options)
    ensures IsLeast(o, options, evaluatedAt) <==> o == Least(options, |options|, evaluatedAt)
  {
    LeastBelow(options, |options|, evaluatedAt);
    hide Compare;
    var least := Least(options, |options|, evaluatedAt);
    if IsLeast(o, options, evaluatedAt) && o != least {
      var i, j :| 0 <= i < |options| && options[i] == o && 0 <= j < |options| && options[j] == least;
      CompareTotal(o, least, evaluatedAt);
      assert false;
    }
  }

  /** Starvation protection: if any option is past its age threshold, no option
      was created before the least one. */
  lemma OldestFirst(options: seq<RoomOption>, evaluatedAt: Time)
    requires |options| > 0 && OnePolicy(options) && DistinctRanks(options)
    requires exists o :: o in options && RoomAgePrioritized(o.room, evaluatedAt)
    ensures
      var least := Least(options, |options|, evaluatedAt);
      && RoomAgePrioritized(least.room, evaluatedAt)
      && forall o :: o in options ==> least.room.createdAt <= o.room.createdAt
  {
    LeastBelow(options, |options|, evaluatedAt);
    var least := Least(options, |options|, evaluatedAt);
    var aged :| aged in options && RoomAgePrioritized(aged.room, evaluatedAt);
    forall o | o in options
      ensures RoomAgePrioritized(least.room, evaluatedAt) && least.room.createdAt <= o.room.createdAt
    {
      var i :| 0 <= i < |options| && options[i] == o;
      var j :| 0 <= j < |options| && options[j] == aged;
    }
  }

  // ---------------------------------------------------------------------
  // Selection
  // ---------------------------------------------------------------------

  /** The eligible options among the first `k` rooms. */
  ghost function OptionsOf(
      predict: Predictor, rooms: seq<RoomView>, candidate: Candidate, evaluatedAt: Time,
      k: nat): Result<seq<RoomOption>>
    requires k <= |rooms|
  {
    if k == 0 then Ok([])
    else
      var before := OptionsOf(predict, rooms, candidate, evaluatedAt, k - 1);
      var decision := Decide(predict, rooms[k - 1], candidate, evaluatedAt);
      if before.Err? then before
      else if decision.Err? then Err(decision.error)
      else if decision.value.eligible then Ok(before.value + [RoomOption(rooms[k - 1], decision.value, k - 1)])
      else before
  }

  function SelectionOf(o: RoomOption, evaluatedAt: Time): RoomSelection {
    RoomSelection(o.room.roomId, o.room.aggregateVersion, |o.room.members|, o.room.capacity,
                  RoomAgePrioritized(o.room, evaluatedAt), o.decision)
  }

  ghost function Selection(
      predict: Predictor, rooms: seq<RoomView>, candidate: Candidate,
      evaluatedAt: Time): Result<Option<RoomSelection>> {
    if |rooms| == 0 then Ok(None)
    else if !ScopeValid(rooms, |rooms|) || |rooms| > rooms[0].policy.roomLimit then Err(InvalidInput)
    else
      var options := OptionsOf(predict, rooms, candidate, evaluatedAt, |rooms|);
      if options.Err? then Err(options.error)
      else if |options.value| == 0 then Ok(None)
      else Ok(Some(SelectionOf(Least(options.value, |options.value|, evaluatedAt), evaluatedAt)))
  }

  lemma {:induction false} OptionsFromRooms(
      predict: Predictor, rooms: seq<RoomView>, candidate: Candidate, evaluatedAt: Time, k: nat)
    requires 0 < |rooms| && ScopeValid(rooms, |rooms|) && k <= |rooms|
    requires OptionsOf(predict, rooms, candidate, evaluatedAt, k).Ok?
    ensures
      var options := OptionsOf(predict, rooms, candidate, evaluatedAt, k).value;
      && OnePolicy(options) && DistinctRanks(options)
      && (forall o :: o in options ==>
        && o.inputRank < k
        && o.room == rooms[o.inputRank]
        && Decide(predict, o.room, candidate, evaluatedAt) == Ok(o.decision)
        && o.decision.eligible)
  {
    hide Evaluate;
    if k > 0 {
      OptionsFromRooms(predict, rooms, candidate, evaluatedAt, k - 1);
    }
  }

  ghost predicate Sorted(options: seq<RoomOption>, evaluatedAt: Time) {
    forall i, j :: 0 <= i < j < |options| ==> Compare(options[i], options[j], evaluatedAt) < 0
  }

  /** `o` can be placed among `options`: same policy, another input position. */
  ghost predicate Comparable(o: RoomOption, options: seq<RoomOption>) {
    forall i :: 0 <= i < |options| ==>
      options[i].room.policy == o.room.policy && options[i].inputRank != o.inputRank
  }

  lemma SortedInsert(ordered: seq<RoomOption>, at: nat, o: RoomOption, evaluatedAt: Time)
    requires Sorted(ordered, evaluatedAt) && Comparable(o, ordered) && at <= |ordered|
    requires forall i :: 0 <= i < at ==> Compare(ordered[i], o, evaluatedAt) < 0
    requires at < |ordered| ==> Compare(o, ordered[at], evaluatedAt) < 0
    ensures Sorted(ordered[..at] + [o] + ordered[at..], evaluatedAt)
  {
    hide Compare;
    forall i | at <= i < |ordered| ensures Compare(o, ordered[i], evaluatedAt) < 0 {
      if i > at {
        CompareTransitive(o, ordered[at], ordered[i], evaluatedAt);
      }
    }
  }

  method Insert(ordered: seq<RoomOption>, o: RoomOption, evaluatedAt: Time) returns (extended: seq<RoomOption>)
    requires Sorted(ordered, evaluatedAt) && Comparable(o, ordered)
    ensures Sorted(extended, evaluatedAt)
    ensures multiset(extended) == multiset(ordered) + multiset{o}
  {
    hide Compare, Sorted;
    var at := 0;
    while at < |ordered| && Compare(o, ordered[at], evaluatedAt) >= 0
      invariant 0 <= at <= |ordered|
      invariant forall i :: 0 <= i < at ==> Compare(ordered[i], o, evaluatedAt) < 0
    {
      CompareTotal(o, ordered[at], evaluatedAt);
      at := at + 1;
    }
    SortedInsert(ordered, at, o, evaluatedAt);
    extended := ordered[..at] + [o] + ordered[at..];
    assert ordered == ordered[..at] + ordered[at..];
  }

  /** Stable sort of the options by the comparator. */
  method SortOptions(options: seq<RoomOption>, evaluatedAt: Time) returns (ordered: seq<RoomOption>)
    requires OnePolicy(options) && DistinctRanks(options)
    ensures multiset(ordered) == multiset(options)
    ensures Sorted(ordered, evaluatedAt)
  {
    ordered := [];
    for k := 0 to |options|
      invariant multiset(ordered) == multiset(options[..k])
      invariant Sorted(ordered, evaluatedAt)
    {
      hide Compare, Sorted;
      FromPrefix(options, k, ordered);
      assert options[..k + 1] == options[..k] + [options[k]];
      ordered := Insert(ordered, options[k], evaluatedAt);
    }
    assert options[..|options|] == options;
  }

  lemma FromPrefix(options: seq<RoomOption>, k: nat, ordered: seq<RoomOption>)
    requires k < |options| && OnePolicy(options) && DistinctRanks(options)
    requires multiset(ordered) == multiset(options[..k])
    ensures Comparable(options[k], ordered)
  {
    forall p | p in ordered
      ensures p.room.policy == options[k].room.policy && p.inputRank != options[k].inputRank
    {
      assert p in multiset(ordered);
      assert p in options[..k];
      var i :| 0 <= i < k && options[i] == p;
      assert options[k] in options;
    }
  }

  /** Builds the eligible options, sorts them and takes the first. */
  method SelectRoom(predict: Predictor, rooms: seq<RoomView>, candidate: Candidate, evaluatedAt: Time)
    returns (selection: Result<Option<RoomSelection>>)
    ensures selection == Selection(predict, rooms, candidate, evaluatedAt)
  {
    hide Compare, Evaluate;
    if |rooms| == 0 {
      return Ok(None);
    }
    var scopeValid := ValidateSelectionScope(rooms);
    if !scopeValid || |rooms| > rooms[0].policy.roomLimit {
      return Err(InvalidInput);
    }
    var options: seq<RoomOption> := [];
    for k := 0 to |rooms|
      invariant OptionsOf(predict, rooms, candidate, evaluatedAt, k) == Ok(options)
    {
      var decisions := Filter(predict, rooms[k], [candidate], evaluatedAt);
      DecideIsFilter(predict, rooms[k], candidate, evaluatedAt, decisions);
      if decisions.Err? {
        OptionsErr(predict, rooms, candidate, evaluatedAt, k, |rooms|);
        return Err(decisions.error);
      }
      if decisions.value[0].eligible {
        options := options + [RoomOption(rooms[k], decisions.value[0], k)];
      }
    }
    if |options| == 0 {
      return Ok(None);
    }
    OptionsFromRooms(predict, rooms, candidate, evaluatedAt, |rooms|);
    var ordered := SortOptions(options, evaluatedAt);
    FirstIsLeast(options, ordered, evaluatedAt);
    selection := Ok(Some(SelectionOf(ordered[0], evaluatedAt)));
  }

  lemma DecideIsFilter(
      predict: Predictor, room: RoomView, candidate: Candidate, evaluatedAt: Time,
      decisions: Result<seq<CandidateDecision>>)
    requires decisions.Ok? <==>
      && FilterAccepts(room, [candidate], evaluatedAt)
      && forall k :: 0 <= k < |[candidate]| ==> Evaluate(predict, room, [candidate][k], evaluatedAt).Ok?
    requires decisions.Ok? ==>
      && |decisions.value| == |[candidate]|
      && forall k :: 0 <= k < |[candidate]| ==>
        Ok(decisions.value[k]) == Evaluate(predict, room, [candidate][k], evaluatedAt)
    requires decisions.Err? && FilterAccepts(room, [candidate], evaluatedAt) ==>
      exists k :: 0 <= k < |[candidate]| && Evaluate(predict, room, [candidate][k], evaluatedAt) == Err(decisions.error)
    requires !FilterAccepts(room, [candidate], evaluatedAt) ==> decisions == Err(InvalidInput)
    ensures decisions.Ok? ==>
      |decisions.value| == 1 && Decide(predict, room, candidate, evaluatedAt) == Ok(decisions.value[0])
    ensures decisions.Err? ==> Decide(predict, room, candidate, evaluatedAt) == Err(decisions.error)
  {
    hide Evaluate;
    assert [candidate][0] == candidate;
  }

  lemma {:induction false} OptionsErr(
      predict: Predictor, rooms: seq<RoomView>, candidate: Candidate, evaluatedAt: Time, k: nat, m: nat)
    requires k < m <= |rooms| && OptionsOf(predict, rooms, candidate, evaluatedAt, k).Ok?
    requires Decide(predict, rooms[k], candidate, evaluatedAt).Err?
    ensures OptionsOf(predict, rooms, candidate, evaluatedAt, m)
      == Err(Decide(predict, rooms[k], candidate, evaluatedAt).error)
  {
    hide Decide;
    if k + 1 < m {
      OptionsErr(predict, rooms, candidate, evaluatedAt, k, m - 1);
    }
  }

  lemma FirstIsLeast(options: seq<RoomOption>, ordered: seq<RoomOption>, evaluatedAt: Time)
    requires |options| > 0 && OnePolicy(options) && DistinctRanks(options)
    requires multiset(ordered) == multiset(options)
    requires Sorted(ordered, evaluatedAt)
    ensures |ordered| > 0 && ordered[0] == Least(options, |options|, evaluatedAt)
  {
    hide Compare;
    assert options[0] in multiset(ordered);
    assert ordered[0] in multiset(options);
    forall p | p in options && p != ordered[0] ensures Compare(ordered[0], p, evaluatedAt) < 0 {
      assert p in multiset(ordered);
      var i :| 0 <= i < |ordered| && ordered[i] == p;
    }
    LeastIsUnique(options, evaluatedAt, ordered[0]);
  }

  // ---------------------------------------------------------------------
  // What a selection means for the rooms
  // ---------------------------------------------------------------------

  ghost predicate EligibleRoom(
    predict: Predictor, rooms: seq<RoomView>, candidate: Candidate, evaluatedAt: Time, i: nat)
  {
    && i < |rooms|
    && Decide(predict, rooms[i], candidate, evaluatedAt).Ok?
    && Decide(predict, rooms[i], candidate, evaluatedAt).value.eligible
  }

  /** No eligible room is forgotten. */
  lemma {:induction false} EligibleRoomIsOption(
    predict: Predictor, rooms: seq<RoomView>, candidate: Candidate, evaluatedAt: Time, k: nat, i: nat)
    requires i < k <= |rooms| && EligibleRoom(predict, rooms, candidate, evaluatedAt, i)
    requires OptionsOf(predict, rooms, candidate, evaluatedAt, k).Ok?
    ensures RoomOption(rooms[i], Decide(predict, rooms[i], candidate, evaluatedAt).value, i)
      in OptionsOf(predict, rooms, candidate, evaluatedAt, k).value
  {
    hide Decide;
    if i < k - 1 {
      EligibleRoomIsOption(predict, rooms, candidate, evaluatedAt, k - 1, i);
    }
  }

  /** A room is selected exactly if one is eligible. */
  lemma SelectsIffEligible(predict: Predictor, rooms: seq<RoomView>, candidate: Candidate, evaluatedAt: Time)
    requires Selection(predict, rooms, candidate, evaluatedAt).Ok?
    ensures Selection(predict, rooms, candidate, evaluatedAt).value.Some?
      <==> exists i: nat :: EligibleRoom(predict, rooms, candidate, evaluatedAt, i)
  {
    hide Compare, Decide, Least;
    if |rooms| > 0 {
      var options := OptionsOf(predict, rooms, candidate, evaluatedAt, |rooms|).value;
      OptionsFromRooms(predict, rooms, candidate, evaluatedAt, |rooms|);
      if |options| > 0 {
        assert options[0] in options;
        assert EligibleRoom(predict, rooms, candidate, evaluatedAt, options[0].inputRank);
      }
      if i: nat :| EligibleRoom(predict, rooms, candidate, evaluatedAt, i) {
        EligibleRoomIsOption(predict, rooms, candidate, evaluatedAt, |rooms|, i);
      }
    }
  }

  ghost predicate OldestEligible(
    predict: Predictor, rooms: seq<RoomView>, candidate: Candidate, evaluatedAt: Time, i: nat)
  {
    && EligibleRoom(predict, rooms, candidate, evaluatedAt, i)
    && rooms[i].createdAt + rooms[i].policy.agePriorityAfter <= evaluatedAt
    && forall j: nat :: EligibleRoom(predict, rooms, candidate, evaluatedAt, j) ==>
      rooms[i].createdAt <= rooms[j].createdAt
  }

  ghost predicate Chooses(selection: Result<Option<RoomSelection>>, room: RoomView) {
    selection.Ok? && selection.value.Some? && selection.value.value.roomId == room.roomId
  }

  /** Starvation protection, for the rooms themselves: if any eligible room is past
      its age threshold, the selected room is an eligible one past its threshold,
      and no eligible room was created before it. */
  lemma SelectionIsOldest(
    predict: Predictor, rooms: seq<RoomView>, candidate: Candidate, evaluatedAt: Time, i: nat)
    returns (chosen: nat)
    requires Selection(predict, rooms, candidate, evaluatedAt).Ok?
    requires EligibleRoom(predict, rooms, candidate, evaluatedAt, i)
    requires rooms[i].createdAt + rooms[i].policy.agePriorityAfter <= evaluatedAt
    ensures OldestEligible(predict, rooms, candidate, evaluatedAt, chosen)
    ensures Chooses(Selection(predict, rooms, candidate, evaluatedAt), rooms[chosen])
  {
    hide Compare, Decide;
    var options := OptionsOf(predict, rooms, candidate, evaluatedAt, |rooms|).value;
    OptionsFromRooms(predict, rooms, candidate, evaluatedAt, |rooms|);
    EligibleRoomIsOption(predict, rooms, candidate, evaluatedAt, |rooms|, i);
    OldestFirst(options, evaluatedAt);
    LeastBelow(options, |options|, evaluatedAt);
    var least := Least(options, |options|, evaluatedAt);
    hide Least;
    assert least in options;
    chosen := least.inputRank;
    forall j: nat | EligibleRoom(predict, rooms, candidate, evaluatedAt, j)
      ensures least.room.createdAt <= rooms[j].createdAt
    {
      EligibleRoomIsOption(predict, rooms, candidate, evaluatedAt, |rooms|, j);
    }
  }

  /** What a selected room promises its candidate. */
  lemma SelectedIsEligible(predict: Predictor, rooms: seq<RoomView>, candidate: Candidate, evaluatedAt: Time)
    returns (rank: nat)
    requires Selection(predict, rooms, candidate, evaluatedAt).Ok?
    requires Selection(predict, rooms, candidate, evaluatedAt).value.Some?
    ensures rank < |rooms|
    ensures
      var chosen := Selection(predict, rooms, candidate, evaluatedAt).value.value;
      && chosen.roomId == rooms[rank].roomId
      && chosen.roomVersion == rooms[rank].aggregateVersion
      && Decide(predict, rooms[rank], candidate, evaluatedAt) == Ok(chosen.decision)
      && chosen.decision.eligible
  {
    hide Compare, Evaluate;
    var options := OptionsOf(predict, rooms, candidate, evaluatedAt, |rooms|).value;
    OptionsFromRooms(predict, rooms, candidate, evaluatedAt, |rooms|);
    LeastBelow(options, |options|, evaluatedAt);
    var least := Least(options, |options|, evaluatedAt);
    assert least in options;
    rank := least.inputRank;
  }
}
