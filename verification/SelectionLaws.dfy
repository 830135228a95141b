/** Which of the eligible rooms is selected, and what an attempt comes to. */
module SelectionLaws {
  import opened Common
  import opened RatingTypes
  import opened MatchTypes
  import opened Eligibility
  import opened Selector
  import opened Orchestration

  ghost function GapOf(predict: Predictor, rooms: seq<RoomView>, candidate: Candidate, evaluatedAt: Time, i: nat): real
    requires EligibleRoom(predict, rooms, candidate, evaluatedAt, i)
  {
    Decide(predict, rooms[i], candidate, evaluatedAt).value.skillGap
  }

  /** Age does not decide between the two rooms: both are past their threshold and
      equally old, or neither is past it. */
  predicate SameAge(a: RoomView, b: RoomView, evaluatedAt: Time) {
    && (a.createdAt + a.policy.agePriorityAfter <= evaluatedAt
      <==> b.createdAt + b.policy.agePriorityAfter <= evaluatedAt)
    && (a.createdAt + a.policy.agePriorityAfter <= evaluatedAt ==> a.createdAt == b.createdAt)
  }

  /** The selected room is an eligible one. Among the eligible rooms that age does not
      put behind it, it is the first in the input; or, under a policy that prefers
      nearly full rooms, one with the most members, among these one with the smallest
      gap, and among these the first. */
  lemma SelectionPrefers(predict: Predictor, rooms: seq<RoomView>, candidate: Candidate, evaluatedAt: Time)
    returns (chosen: nat)
    requires Selection(predict, rooms, candidate, evaluatedAt).Ok?
    requires Selection(predict, rooms, candidate, evaluatedAt).value.Some?
    ensures EligibleRoom(predict, rooms, candidate, evaluatedAt, chosen)
    ensures Chooses(Selection(predict, rooms, candidate, evaluatedAt), rooms[chosen])
    ensures forall j: nat :: Rival(predict, rooms, candidate, evaluatedAt, chosen, j) ==>
      Prefers(predict, rooms, candidate, evaluatedAt, chosen, j)
  {
    hide Decide, RoomAgePrioritized, Compare;
    var options := OptionsOf(predict, rooms, candidate, evaluatedAt, |rooms|).value;
    OptionsFromRooms(predict, rooms, candidate, evaluatedAt, |rooms|);
    LeastBelow(options, |options|, evaluatedAt);
    var least := Least(options, |options|, evaluatedAt);
    hide Least;
    assert least in options;
    chosen := least.inputRank;
    forall j: nat | Rival(predict, rooms, candidate, evaluatedAt, chosen, j)
      ensures Prefers(predict, rooms, candidate, evaluatedAt, chosen, j)
    {
      var o := RoomOption(rooms[j], Decide(predict, rooms[j], candidate, evaluatedAt).value, j);
      EligibleRoomIsOption(predict, rooms, candidate, evaluatedAt, |rooms|, j);
      var i :| 0 <= i < |options| && options[i] == o;
      assert Compare(least, o, evaluatedAt) < 0;
      TieBreak(least, o, evaluatedAt);
    }
  }

  ghost predicate Rival(
    predict: Predictor, rooms: seq<RoomView>, candidate: Candidate, evaluatedAt: Time, i: nat, j: nat)
  {
    && i != j && EligibleRoom(predict, rooms, candidate, evaluatedAt, i)
    && EligibleRoom(predict, rooms, candidate, evaluatedAt, j) && SameAge(rooms[i], rooms[j], evaluatedAt)
  }

  ghost predicate Prefers(
    predict: Predictor, rooms: seq<RoomView>, candidate: Candidate, evaluatedAt: Time, i: nat, j: nat)
    requires EligibleRoom(predict, rooms, candidate, evaluatedAt, i)
    requires EligibleRoom(predict, rooms, candidate, evaluatedAt, j)
  {
    var gap, other := GapOf(predict, rooms, candidate, evaluatedAt, i),
      GapOf(predict, rooms, candidate, evaluatedAt, j);
    if rooms[i].policy.preferNearlyFull then
      && |rooms[i].members| >= |rooms[j].members|
      && (|rooms[i].members| == |rooms[j].members| ==> gap <= other)
      && (|rooms[i].members| == |rooms[j].members| && gap == other ==> i < j)
    else i < j
  }

  lemma TieBreak(a: RoomOption, b: RoomOption, evaluatedAt: Time)
    requires Compare(a, b, evaluatedAt) < 0 && SameAge(a.room, b.room, evaluatedAt)
    ensures if a.room.policy.preferNearlyFull then
      && |a.room.members| >= |b.room.members|
      && (|a.room.members| == |b.room.members| ==> a.decision.skillGap <= b.decision.skillGap)
      && (|a.room.members| == |b.room.members| && a.decision.skillGap == b.decision.skillGap ==>
        a.inputRank < b.inputRank)
    else a.inputRank < b.inputRank
  {
  }

  // ---------------------------------------------------------------------
  // One attempt
  // ---------------------------------------------------------------------

  ghost predicate SomeEligible(predict: Predictor, a: MatchAttempt) {
    exists i: nat :: EligibleRoom(predict, a.rooms, a.candidate, a.evaluatedAt, i)
  }

  ghost predicate Decidable(predict: Predictor, a: MatchAttempt) {
    forall i :: 0 <= i < |a.rooms| ==> Decide(predict, a.rooms[i], a.candidate, a.evaluatedAt).Ok?
  }

  lemma {:induction false} OptionsIffDecided(
    predict: Predictor, rooms: seq<RoomView>, candidate: Candidate, evaluatedAt: Time, k: nat)
    requires k <= |rooms|
    ensures OptionsOf(predict, rooms, candidate, evaluatedAt, k).Ok?
      <==> forall i :: 0 <= i < k ==> Decide(predict, rooms[i], candidate, evaluatedAt).Ok?
  {
    hide Decide;
    if k > 0 {
      OptionsIffDecided(predict, rooms, candidate, evaluatedAt, k - 1);
    }
  }

  lemma SelectionIffDecided(predict: Predictor, a: MatchAttempt)
    requires AttemptValid(a)
    ensures Selection(predict, a.rooms, a.candidate, a.evaluatedAt).Ok? <==> Decidable(predict, a)
  {
    hide Decide, Candidate.Valid, Policy.Valid, RoomView.Valid, Least;
    OptionsIffDecided(predict, a.rooms, a.candidate, a.evaluatedAt, |a.rooms|);
  }

  /** An attempt fails exactly if its view is malformed or, before the deadline has
      passed, a room cannot be decided. Otherwise it matches exactly if the deadline
      has not passed and some room is eligible; it times out exactly if the deadline
      has passed, or is now and no room is eligible; and else it is to be retried.
      The deadline is always the ticket's entry plus the fill timeout. */
  lemma AttemptDecides(predict: Predictor, a: MatchAttempt)
    ensures var deadline := a.candidate.joinedAt + a.policy.fillTimeout;
      var result := Attempt(predict, a);
      && (result.Ok? <==> AttemptValid(a) && (a.evaluatedAt <= deadline ==> Decidable(predict, a)))
      && (result.Ok? ==>
        && result.value.deadline == deadline
        && (result.value.Matched? <==> a.evaluatedAt <= deadline && SomeEligible(predict, a))
        && (result.value.TimedOut? <==>
          deadline < a.evaluatedAt || (deadline == a.evaluatedAt && !SomeEligible(predict, a)))
        && (result.value.Matched? ==>
          Selection(predict, a.rooms, a.candidate, a.evaluatedAt) == Ok(Some(result.value.selection))))
  {
    hide AttemptValid, Decide, Selection, RetryBoundary, EligibleRoom;
    if AttemptValid(a) {
      SelectionIffDecided(predict, a);
      if Selection(predict, a.rooms, a.candidate, a.evaluatedAt).Ok? {
        SelectsIffEligible(predict, a.rooms, a.candidate, a.evaluatedAt);
      }
    }
  }
}
