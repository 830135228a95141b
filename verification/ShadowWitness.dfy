/** Runs that get stuck, with rooms of five. */
module ShadowWitness {
  import opened Common
  import opened Database
  import opened ShadowTimeline
  import opened ShadowRuns
  import opened ShadowBlocking
  import opened ShadowProgress

  const FIRST := {11, 12, 13, 14, 15}
  const SECOND := {11, 16, 17, 18, 19}
  const THIRD := {11, 20, 21, 22, 23}

  const ROOM_ONE := ShadowKey(RoomWork, 1)
  const ROOM_TWO := ShadowKey(RoomWork, 2)
  const ROOM_LATE := ShadowKey(RoomWork, 3)
  const RESULT_ONE := ShadowKey(ResultWork, 4)
  const RESULT_LATE := ShadowKey(ResultWork, 5)

  const BOTH := map[1 := FilledRoom(10, FIRST, Some(6)), 2 := FilledRoom(11, SECOND, Some(6))]
  const BOTH_DONE := map[ROOM_ONE := Work(10, 10, None, 1, Some(12)), ROOM_TWO := Work(11, 11, None, 1, Some(12))]
  const BOTH_PREDICTED := map[1 := Prediction(6, 10, map[]), 2 := Prediction(6, 11, map[])]

  /** Rooms one and two, filled at 10 and 11 with a player in common, are predicted. */
  const PREDICTED := Timeline(BOTH, map[], BOTH_DONE, BOTH_PREDICTED, map[])

  const ONE_RESULT := map[4 := RatedResult(1, 20)]

  /** A worker holds the result of room one, available at 20. */
  const HELD := PREDICTED.(
    results := ONE_RESULT, work := BOTH_DONE[RESULT_ONE := Work(20, 20, Some(Lease(9, 22)), 1, None)])

  /** It is rated. */
  const RATED := PREDICTED.(
    results := ONE_RESULT,
    work := BOTH_DONE[RESULT_ONE := Work(20, 20, None, 1, Some(21))],
    states := Advance(map[], FIRST, 6, 20))

  function Recorded(t: Timeline): Timeline {
    t.(rooms := t.rooms[3 := FilledRoom(15, THIRD, Some(6))], work := t.work[ROOM_LATE := NewWork(15)])
  }

  /** The result of room two, available at 18. */
  function ResultRecorded(t: Timeline): Timeline {
    t.(results := t.results[5 := RatedResult(2, 18)], work := t.work[RESULT_LATE := NewWork(18)])
  }

  lemma FiveEach()
    ensures |FIRST| == |SECOND| == |THIRD| == 5
  {
  }

  /** One more step of a run that is written down backwards. */
  lemma Back(t: Timeline, step: Step, next: Timeline, end: Timeline)
    requires Enabled(t, step) && Apply(t, step) == next && Leads(next, end)
    ensures Leads(t, end)
  {
    hide Enabled, Apply, Leads;
    LeadsOn(t, step, end);
  }

  lemma OwnedRoom(t: Timeline, k: ShadowKey, next: Timeline)
    requires k.kind.RoomWork? && Owns(t.work, k, 8, 13) && t.work[k].position <= 12
    requires ProcessRoom(t, k, 12).timeline == next
    ensures Process(t, k, 8, 12, 13).timeline == next
  {
    hide ProcessRoom, Owns;
  }

  lemma OwnedResult(t: Timeline, k: ShadowKey, next: Timeline)
    requires k.kind.ResultWork? && Owns(t.work, k, 9, 21) && t.work[k].position <= 21
    requires ProcessResult(t, k, 21).timeline == next
    ensures Process(t, k, 9, 21, 21).timeline == next
  {
    hide ProcessResult, Owns;
  }

  lemma FirstPrediction(t: Timeline, r: Id)
    requires r in t.rooms && t.states == map[] && t.rooms[r].candidate == Some(6) && ShadowKey(RoomWork, r) in t.work
    ensures ProcessRoom(t, ShadowKey(RoomWork, r), 12).timeline
      == Finish(t, ShadowKey(RoomWork, r), 12).(
           predictions := t.predictions[r := Prediction(6, t.rooms[r].filledAt, map[])])
  {
    assert DatesRead(map[], t.rooms[r].players, 6) == map[];
    assert !AnyNewer(map[], t.rooms[r].players, 6, t.rooms[r].filledAt);
    hide AnyNewer, DatesRead, Finish;
  }

  lemma HeadIsOpen(work: map<ShadowKey, Work>, k: ShadowKey)
    requires IsHead(work, k)
    ensures Open(work, k)
  {
  }

  /** A new head is claimed and, with no states yet, predicted. */
  lemma PredictHead(t: Timeline, r: Id, next: Timeline, end: Timeline)
    requires r in t.rooms && t.states == map[] && t.rooms[r].candidate == Some(6) && t.rooms[r].filledAt <= 12
    requires IsHead(t.work, ShadowKey(RoomWork, r))
    requires t.work[ShadowKey(RoomWork, r)] == NewWork(t.rooms[r].filledAt)
    requires next == t.(
      work := t.work[ShadowKey(RoomWork, r) := Work(t.rooms[r].filledAt, t.rooms[r].filledAt, None, 1, Some(12))],
      predictions := t.predictions[r := Prediction(6, t.rooms[r].filledAt, map[])])
    requires Leads(next, end)
    ensures Leads(t, end)
  {
    hide Leads;
    var k, room := ShadowKey(RoomWork, r), t.rooms[r];
    var held := t.(work := t.work[k := Work(room.filledAt, room.filledAt, Some(Lease(8, 14)), 1, None)]);
    HeadIsOpen(t.work, k);
    hide IsHead, ProcessRoom, Process;
    FirstPrediction(held, r);
    assert held.work[k := next.work[k]] == next.work;
    OwnedRoom(held, k, next);
    hide Finish, Owns;
    Back(held, Run(k, 8, 12, 13), next, end);
    Back(t, Claim(k, 8, 12, 14), held, end);
  }

  const FILLED := START.(rooms := BOTH, work := map[ROOM_ONE := NewWork(10), ROOM_TWO := NewWork(11)])

  const ONE_PREDICTED := FILLED.(
    work := map[ROOM_ONE := BOTH_DONE[ROOM_ONE], ROOM_TWO := NewWork(11)],
    predictions := map[1 := BOTH_PREDICTED[1]])

  lemma ToFilled(end: Timeline)
    requires Leads(FILLED, end)
    ensures Leads(START, end)
  {
    hide Leads;
    FiveEach();
    var one := START.(rooms := map[1 := BOTH[1]], work := map[ROOM_ONE := NewWork(10)]);
    Back(one, FillRoom(2, BOTH[2]), FILLED, end);
    Back(START, FillRoom(1, BOTH[1]), one, end);
  }

  lemma PredictionsInTurn()
    ensures IsHead(FILLED.work, ROOM_ONE) && IsHead(ONE_PREDICTED.work, ROOM_TWO)
    ensures ONE_PREDICTED == FILLED.(
      work := FILLED.work[ROOM_ONE := Work(10, 10, None, 1, Some(12))],
      predictions := FILLED.predictions[1 := Prediction(6, 10, map[])])
    ensures PREDICTED == ONE_PREDICTED.(
      work := ONE_PREDICTED.work[ROOM_TWO := Work(11, 11, None, 1, Some(12))],
      predictions := ONE_PREDICTED.predictions[2 := Prediction(6, 11, map[])])
  {
  }

  lemma ToPredicted(end: Timeline)
    requires Leads(PREDICTED, end)
    ensures Leads(START, end)
  {
    hide Leads, IsHead;
    PredictionsInTurn();
    PredictHead(ONE_PREDICTED, 2, PREDICTED, end);
    PredictHead(FILLED, 1, ONE_PREDICTED, end);
    ToFilled(end);
  }

  lemma ToHeld(end: Timeline)
    requires Leads(HELD, end)
    ensures Leads(START, end)
  {
    hide Leads, CanRun, After;
    var stored := PREDICTED.(results := ONE_RESULT, work := BOTH_DONE[RESULT_ONE := NewWork(20)]);
    Back(stored, Claim(RESULT_ONE, 9, 21, 22), HELD, end);
    Back(PREDICTED, StoreResult(4, RatedResult(1, 20)), stored, end);
    ToPredicted(end);
  }

  lemma HeldIsRated()
    ensures Process(HELD, RESULT_ONE, 9, 21, 21).timeline == RATED
  {
    hide Process, Advance;
    FirstRating();
    assert HELD.work[RESULT_ONE := Work(20, 20, None, 1, Some(21))] == RATED.work;
    hide ProcessResult;
    OwnedResult(HELD, RESULT_ONE, RATED);
  }

  lemma FirstRating()
    ensures ProcessResult(HELD, RESULT_ONE, 21).timeline
      == Finish(HELD, RESULT_ONE, 21).(states := Advance(map[], FIRST, 6, 20))
  {
    assert !AnyNewer(map[], FIRST, 6, 20);
    hide AnyNewer, Advance, Finish;
  }

  lemma ToRated(end: Timeline)
    requires Leads(RATED, end)
    ensures Leads(START, end)
  {
    hide Leads, Process, Advance;
    HeldIsRated();
    Back(HELD, Run(RESULT_ONE, 9, 21, 21), RATED, end);
    ToHeld(end);
  }

  lemma SharedPlayerIsRated(players: set<Id>, at: Time)
    requires 11 in players && at < 20
    ensures AnyNewer(RATED.states, players, 6, at)
  {
    assert (11, 6) in RATED.states && RATED.states[(11, 6)] == 20;
  }

  /** A room, filled at 15, that is recorded after the rating is blocked at once. */
  lemma LateRoomIsBlocked()
    ensures Leads(START, Recorded(RATED)) && Blocked(Recorded(RATED), ROOM_LATE)
  {
    hide Leads, Advance;
    FiveEach();
    LeadsSelf(Recorded(RATED));
    Back(RATED, FillRoom(3, FilledRoom(15, THIRD, Some(6))), Recorded(RATED), Recorded(RATED));
    ToRated(Recorded(RATED));
    SharedPlayerIsRated(THIRD, 15);
    hide AnyNewer;
  }

  /** A result, available at 18, that is recorded after the rating is blocked just
      the same, with every room predicted. */
  lemma LateResultIsBlocked()
    ensures Leads(START, ResultRecorded(RATED)) && Blocked(ResultRecorded(RATED), RESULT_LATE)
  {
    hide Leads, Advance;
    LeadsSelf(ResultRecorded(RATED));
    Back(RATED, StoreResult(5, RatedResult(2, 18)), ResultRecorded(RATED), ResultRecorded(RATED));
    ToRated(ResultRecorded(RATED));
    SharedPlayerIsRated(SECOND, 18);
    hide AnyNewer;
  }

  /** A room that is recorded while the result is out is free at first, and blocked
      as soon as the worker rates what it holds. */
  lemma LateRoomIsBlockedLater()
    ensures Leads(START, Recorded(HELD)) && !Blocked(Recorded(HELD), ROOM_LATE)
    ensures Threat(Recorded(HELD), ROOM_LATE, RESULT_ONE)
  {
    hide Leads;
    FiveEach();
    LeadsSelf(Recorded(HELD));
    Back(HELD, FillRoom(3, FilledRoom(15, THIRD, Some(6))), Recorded(HELD), Recorded(HELD));
    ToHeld(Recorded(HELD));
    assert 11 in THIRD && 11 in FIRST;
  }
}
